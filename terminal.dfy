/**
 * The fake terminal: how a submitted line is accepted, the canned reply
 * each command gets, the terminal's scroll-back, and the lab view that
 * passes each accepted command on to the lab runner.
 */
module Terminal {
  import opened Text
  import opened Wrappers
  import opened Commands
  import opened Labs

  // ---------------------------------------------------------------------
  // Accepting a line
  // ---------------------------------------------------------------------

  /** `input.trim()`, or nothing when only whitespace was typed. */
  function Accept(input: string): (r: Option<string>)
    ensures r.None? <==> AllIn(input, 0, |input|, Space)
    ensures r.Some? ==> r.value != [] && NoOuterSpace(r.value) && exists i :: Framed(input, i, r.value)
  {
    var cmd := Trim(input);
    if cmd == [] then None else Some(cmd)
  }

  /** An accepted command is accepted again unchanged: it is already trimmed. */
  lemma AcceptIdempotent(input: string)
    requires Accept(input).Some?
    ensures Accept(Accept(input).value) == Accept(input)
  {
    TrimIdempotent(input);
  }

  // ---------------------------------------------------------------------
  // Canned replies
  // ---------------------------------------------------------------------

  const Ping1Reply := "64 bytes from 1.1.1.1: icmp_seq=1 ttl=57 time=12.3 ms"
  const Ping8Reply := "64 bytes from 8.8.8.8: icmp_seq=1 ttl=55 time=18.1 ms"
  const DomainReply := "PING domain: Name resolved, replies received"
  const TraceReply := "Tracing route... hop 1 (192.168.1.1) -> hop 2 (ISP) -> hop 8 (dest)"
  const LookupReply := "Server: 1.1.1.1\nAddress: 1.1.1.1#53\nName: example.com\nAddress: 93.184.216.34"
  const ListingReply := "-rw-r--r-- 1 alice dev  12 Sep 11 10:00 notes.txt\n-rw-r----- 1 root  root 55 Sep 11 10:02 system.log"
  const ChmodReply := "(ok) permissions changed"
  const ChownReply := "(ok) ownership updated"
  const HelpReply := "Try ping, traceroute/tracert, nslookup, ls -l, chmod, chown"
  const Fallback := "Command simulated. Type 'help' for ideas."

  /** Ping to 1.1.1.1, case-sensitive. */
  const PingOne := PingTo(["1.1.1.1"], false)
  /** Ping to 8.8.8.8, case-sensitive. */
  const PingEight := PingTo(["8.8.8.8"], false)
  /** Any of the three trace commands followed by whitespace, ignoring case. */
  const Trace := CommandWord(["traceroute", "tracert", "tracepath"], true)
  /** `nslookup` followed by whitespace, ignoring case. */
  const Lookup := CommandWord(["nslookup"], true)
  /** `ls`, whitespace and `-l`, with nothing required after the flag. */
  const Listing := ListLong(false)
  /** `chown` followed by whitespace, case-sensitive. */
  const AnyChown := CommandWord(["chown"], false)

  /** `simulateOutput`: the reply of the first pattern in the chain that the command matches. */
  function SimulateOutput(cmd: string): (r: string)
    ensures r in [Ping1Reply, Ping8Reply, DomainReply, TraceReply, LookupReply,
                  ListingReply, ChmodReply, ChownReply, HelpReply, Fallback]
  {
    if Matches(PingOne, cmd) then Ping1Reply
    else if Matches(PingEight, cmd) then Ping8Reply
    else if Matches(PingDomain, cmd) then DomainReply
    else if Matches(Trace, cmd) then TraceReply
    else if Matches(Lookup, cmd) then LookupReply
    else if Matches(Listing, cmd) then ListingReply
    else if Matches(ChmodDigits, cmd) then ChmodReply
    else if Matches(AnyChown, cmd) then ChownReply
    else if Matches(Exactly("help"), cmd) then HelpReply
    else Fallback
  }

  /** A pattern and its reply. */
  datatype Rule = Rule(pattern: Pattern, reply: string)

  /** The chain of `simulateOutput` as a table, in order. */
  const Rules: seq<Rule> :=
    [ Rule(PingOne, Ping1Reply), Rule(PingEight, Ping8Reply), Rule(PingDomain, DomainReply),
      Rule(Trace, TraceReply), Rule(Lookup, LookupReply), Rule(Listing, ListingReply),
      Rule(ChmodDigits, ChmodReply), Rule(AnyChown, ChownReply), Rule(Exactly("help"), HelpReply) ]

  /** The index of the first rule whose pattern the command matches. */
  function FirstRule(rules: seq<Rule>, cmd: string): (r: Option<nat>)
    ensures r.None? <==> forall i | 0 <= i < |rules| :: !Matches(rules[i].pattern, cmd)
    ensures r.Some? ==> r.value < |rules| && Matches(rules[r.value].pattern, cmd)
                        && forall k | 0 <= k < r.value :: !Matches(rules[k].pattern, cmd)
  {
    if rules == [] then None
    else if Matches(rules[0].pattern, cmd) then Some(0)
    else
      match FirstRule(rules[1..], cmd)
      case None => None
      case Some(i) => Some(i + 1)
  }

  /** Every pattern of the chain is well-formed, so each one decides its regular language. */
  lemma RulesWellFormed()
    ensures forall r | r in Rules :: WellFormed(r.pattern)
  {
  }

  /** The chain answers with the reply of the first matching rule of the table, and with the fallback when none matches. */
  lemma SimulateOutputIsFirstRule(cmd: string)
    ensures match FirstRule(Rules, cmd)
            case Some(i) => SimulateOutput(cmd) == Rules[i].reply
            case None => SimulateOutput(cmd) == Fallback
  {
    var rs := Rules;
    assert rs[0] == Rule(PingOne, Ping1Reply) && rs[1] == Rule(PingEight, Ping8Reply)
        && rs[2] == Rule(PingDomain, DomainReply) && rs[3] == Rule(Trace, TraceReply)
        && rs[4] == Rule(Lookup, LookupReply) && rs[5] == Rule(Listing, ListingReply)
        && rs[6] == Rule(ChmodDigits, ChmodReply) && rs[7] == Rule(AnyChown, ChownReply)
        && rs[8] == Rule(Exactly("help"), HelpReply) && |rs| == 9;
  }

  /** A command whose first character differs from the command word's is not that command. */
  lemma MissesWord(s: string, w: string, ignoreCase: bool)
    requires s != [] && w != [] && !CharMatches(s[0], w[0], ignoreCase)
    ensures AfterCommand(s, w, ignoreCase).None?
  {
  }

  /** Only a command starting with `t` or `n`, in either case, can be a trace or a lookup. */
  lemma NotTraceOrLookup(s: string)
    requires s != [] && ToLower(s[0]) != 't' && ToLower(s[0]) != 'n'
    ensures !Matches(Trace, s) && !Matches(Lookup, s)
  {
    MissesWord(s, "traceroute", true);
    MissesWord(s, "tracert", true);
    MissesWord(s, "tracepath", true);
    MissesWord(s, "nslookup", true);
  }

  /** Only a command starting with `p`, `t` or `n`, in either case, gets one of the network replies. */
  lemma NotNetworkCommand(s: string)
    requires s != [] && ToLower(s[0]) != 'p' && ToLower(s[0]) != 't' && ToLower(s[0]) != 'n'
    ensures !Matches(PingOne, s) && !Matches(PingEight, s) && !Matches(PingDomain, s)
    ensures !Matches(Trace, s) && !Matches(Lookup, s)
  {
    MissesWord(s, "ping", false);
    MissesWord(s, "ping", true);
    NotTraceOrLookup(s);
  }

  /** Only a command starting with `l` or `c` gets one of the permission replies. */
  lemma NotPermissionCommand(s: string)
    requires s != [] && s[0] != 'l' && s[0] != 'c'
    ensures !Matches(Listing, s) && !Matches(ChmodDigits, s) && !Matches(AnyChown, s)
  {
    MissesWord(s, "ls", false);
    MissesWord(s, "chmod", false);
    MissesWord(s, "chown", false);
  }

  /** A command that matches no network rule but the listing rule gets the listing. */
  lemma ListingReplyWhen(cmd: string)
    requires !Matches(PingOne, cmd) && !Matches(PingEight, cmd) && !Matches(PingDomain, cmd)
    requires !Matches(Trace, cmd) && !Matches(Lookup, cmd) && Matches(Listing, cmd)
    ensures SimulateOutput(cmd) == ListingReply
  {
  }

  lemma ListLongAllNotNetwork()
    ensures !Matches(PingOne, "ls -la") && !Matches(PingEight, "ls -la") && !Matches(PingDomain, "ls -la")
    ensures !Matches(Trace, "ls -la") && !Matches(Lookup, "ls -la")
  {
    NotNetworkCommand("ls -la");
  }

  lemma ListLongAllListing()
    ensures Matches(Listing, "ls -la")
  {
    var s := "ls -la";
    assert LiteralAt(s, 0, "ls", false) && s[2] == ' ' && s[3] == '-';
    AfterCommandSingleSpace(s, "ls", false);
    assert LiteralAt(s, 3, "-l", false);
  }

  /** `ls -la` gets the listing, although the permissions lab does not count it. */
  lemma ListingIgnoresFlagEnd()
    ensures SimulateOutput("ls -la") == ListingReply
    ensures !Matches(ListLong(true), "ls -la")
  {
    ListLongAllNotNetwork();
    ListLongAllListing();
    ListingReplyWhen("ls -la");
    ListLongNeedsFlagEnd();
  }

  lemma UpperCasePingCommand()
    ensures AfterCommand("PING 1.1.1.1", "ping", true) == Some(5)
  {
    var s := "PING 1.1.1.1";
    assert LiteralAt(s, 0, "ping", true) && s[4] == ' ' && s[5] == '1';
    AfterCommandSingleSpace(s, "ping", true);
  }

  lemma UpperCasePingNoDomain()
    ensures !Matches(PingDomain, "PING 1.1.1.1")
    ensures AfterCommand("PING 1.1.1.1", "ping", true) == Some(5)
  {
    var s := "PING 1.1.1.1";
    UpperCasePingCommand();
    assert AllIn(s, 5, 12, Host);
    SpanFromExact(s, 5, 12, Host);
    assert !DomainAt(s, 6) && !DomainAt(s, 7) && !DomainAt(s, 8);
  }

  lemma UpperCasePingMatchesNoPattern()
    ensures !Matches(PingOne, "PING 1.1.1.1") && !Matches(PingEight, "PING 1.1.1.1") && !Matches(PingDomain, "PING 1.1.1.1")
    ensures !Matches(Trace, "PING 1.1.1.1") && !Matches(Lookup, "PING 1.1.1.1")
    ensures !Matches(Listing, "PING 1.1.1.1") && !Matches(ChmodDigits, "PING 1.1.1.1") && !Matches(AnyChown, "PING 1.1.1.1")
  {
    var s := "PING 1.1.1.1";
    MissesWord(s, "ping", false);
    UpperCasePingNoDomain();
    NotTraceOrLookup(s);
    NotPermissionCommand(s);
  }

  lemma UpperCasePingReply()
    ensures SimulateOutput("PING 1.1.1.1") == Fallback
  {
    UpperCasePingMatchesNoPattern();
    HelpReplyWhen("PING 1.1.1.1");
    assert "PING 1.1.1.1" != "help" by { assert |"PING 1.1.1.1"| != |"help"|; }
  }

  lemma UpperCasePingCounts()
    ensures Matches(NetBasicsChecks[0], "PING 1.1.1.1")
  {
    var s := "PING 1.1.1.1";
    UpperCasePingCommand();
    assert LiteralAt(s, 5, "1.1.1.1", true);
  }

  /** `PING 1.1.1.1` gets the fallback, although the network lab counts it as a ping to a public address. */
  lemma UpperCasePingFallsThrough()
    ensures SimulateOutput("PING 1.1.1.1") == Fallback
    ensures Matches(NetBasicsChecks[0], "PING 1.1.1.1")
  {
    UpperCasePingReply();
    UpperCasePingCounts();
  }

  /** A command that matches none of the pattern rules gets the help text exactly when it is `help`. */
  lemma HelpReplyWhen(cmd: string)
    requires !Matches(PingOne, cmd) && !Matches(PingEight, cmd) && !Matches(PingDomain, cmd)
    requires !Matches(Trace, cmd) && !Matches(Lookup, cmd)
    requires !Matches(Listing, cmd) && !Matches(ChmodDigits, cmd) && !Matches(AnyChown, cmd)
    ensures SimulateOutput(cmd) == if cmd == "help" then HelpReply else Fallback
  {
  }

  lemma HelpMatchesNoPattern()
    ensures !Matches(PingOne, "help") && !Matches(PingEight, "help") && !Matches(PingDomain, "help")
    ensures !Matches(Trace, "help") && !Matches(Lookup, "help")
    ensures !Matches(Listing, "help") && !Matches(ChmodDigits, "help") && !Matches(AnyChown, "help")
  {
    NotNetworkCommand("help");
    NotPermissionCommand("help");
  }

  lemma CapitalHelpMatchesNoPattern()
    ensures !Matches(PingOne, "Help") && !Matches(PingEight, "Help") && !Matches(PingDomain, "Help")
    ensures !Matches(Trace, "Help") && !Matches(Lookup, "Help")
    ensures !Matches(Listing, "Help") && !Matches(ChmodDigits, "Help") && !Matches(AnyChown, "Help")
  {
    NotNetworkCommand("Help");
    NotPermissionCommand("Help");
  }

  /** `help` must be the whole command: `Help` gets the fallback. */
  lemma HelpIsExact()
    ensures SimulateOutput("help") == HelpReply
    ensures SimulateOutput("Help") == Fallback
  {
    HelpMatchesNoPattern();
    HelpReplyWhen("help");
    CapitalHelpMatchesNoPattern();
    HelpReplyWhen("Help");
    assert "Help" != "help" by { assert "Help"[0] != "help"[0]; }
  }

  /** A command that only the `chown` rule matches gets the ownership reply. */
  lemma ChownReplyWhen(cmd: string)
    requires !Matches(PingOne, cmd) && !Matches(PingEight, cmd) && !Matches(PingDomain, cmd)
    requires !Matches(Trace, cmd) && !Matches(Lookup, cmd)
    requires !Matches(Listing, cmd) && !Matches(ChmodDigits, cmd) && Matches(AnyChown, cmd)
    ensures SimulateOutput(cmd) == ChownReply
  {
  }

  lemma ChownAliceCommand()
    ensures AfterCommand("chown alice", "chown", false) == Some(6)
  {
    var s := "chown alice";
    assert LiteralAt(s, 0, "chown", false) && s[5] == ' ' && s[6] == 'a';
    AfterCommandSingleSpace(s, "chown", false);
  }

  lemma ChownAliceNotNetwork()
    ensures !Matches(PingOne, "chown alice") && !Matches(PingEight, "chown alice") && !Matches(PingDomain, "chown alice")
    ensures !Matches(Trace, "chown alice") && !Matches(Lookup, "chown alice")
  {
    NotNetworkCommand("chown alice");
  }

  lemma ChownAliceNotListOrMode()
    ensures !Matches(Listing, "chown alice") && !Matches(ChmodDigits, "chown alice")
  {
    var s := "chown alice";
    MissesWord(s, "ls", false);
    assert !CharMatches(s[3], "chmod"[3], false);
  }

  lemma ChownAliceReply()
    ensures SimulateOutput("chown alice") == ChownReply
  {
    ChownAliceNotNetwork();
    ChownAliceNotListOrMode();
    ChownAliceCommand();
    assert "chown" in ["chown"];
    ChownReplyWhen("chown alice");
  }

  lemma ChownAliceNoTarget()
    ensures !Matches(ChownOwner, "chown alice")
  {
    var s := "chown alice";
    ChownAliceCommand();
    assert AllIn(s, 6, 11, Word);
    SpanFromExact(s, 6, 11, Word);
  }

  /** `chown` with any argument is acknowledged, although the permissions lab wants an owner and a target. */
  lemma ChownWithoutTarget()
    ensures SimulateOutput("chown alice") == ChownReply
    ensures !Matches(ChownOwner, "chown alice")
  {
    ChownAliceReply();
    ChownAliceNoTarget();
  }

  // ---------------------------------------------------------------------
  // The terminal
  // ---------------------------------------------------------------------

  const DefaultPrompt := "student@lab:~$"

  /** The banner of the lab terminal. */
  const LabBanner := "Welcome to the simulated lab terminal. Type 'help' to see sample commands."

  /** A terminal: its prompt, the text in the input box, and the scroll-back. */
  class FakeTerminal {
    const prompt: string
    var input: string
    var lines: seq<string>

    /** The scroll-back starts with the banner when there is one. */
    constructor (prompt: string, banner: string)
      ensures this.prompt == prompt && input == []
      ensures lines == if banner == [] then [] else [banner]
    {
      this.prompt := prompt;
      input := [];
      lines := if banner == [] then [] else [banner];
    }

    /** The input box's change handler. */
    method Type(value: string)
      modifies this
      ensures input == value && lines == old(lines)
    {
      input := value;
    }

    /**
     * `handleSubmit`: a blank line changes nothing; otherwise the echo and
     * the reply are appended, the box is cleared, and the trimmed command
     * is returned for the `onCommand` callback.
     */
    method Submit() returns (sent: Option<string>)
      modifies this
      ensures sent == Accept(old(input))
      ensures sent.None? ==> input == old(input) && lines == old(lines)
      ensures sent.Some? ==> input == [] && lines == old(lines) + [prompt + " " + sent.value, SimulateOutput(sent.value)]
    {
      sent := Accept(input);
      if sent.Some? {
        var cmd := sent.value;
        lines := lines + [prompt + " " + cmd, SimulateOutput(cmd)];
        input := [];
      }
    }
  }

  /** Every recorded command is non-empty and has no surrounding whitespace. */
  predicate AllTrimmed(history: seq<string>)
  {
    forall i | 0 <= i < |history| :: history[i] != [] && NoOuterSpace(history[i])
  }

  /** Appending an accepted command keeps every recorded command trimmed. */
  lemma AllTrimmedAppend(history: seq<string>, cmd: string)
    requires AllTrimmed(history) && cmd != [] && NoOuterSpace(cmd)
    ensures AllTrimmed(history + [cmd])
  {
  }

  /** A recorded command is its own trimmed form. */
  lemma TrimmedEntry(history: seq<string>, i: nat)
    requires AllTrimmed(history) && i < |history|
    ensures Trim(history[i]) == history[i]
  {
    var c := history[i];
    assert Framed(c, 0, c) by {
      assert c[0..|c|] == c;
    }
    TrimUnique(c, 0, c);
  }

  /** The lab view's terminal for a runner. */
  method LabTerminal() returns (term: FakeTerminal)
    ensures fresh(term) && term.prompt == DefaultPrompt && term.input == [] && term.lines == [LabBanner]
  {
    term := new FakeTerminal(DefaultPrompt, LabBanner);
  }

  /**
   * Submitting in the lab view: the runner's history gains the accepted
   * command, and only that, while the result on display stays as it was.
   */
  method SubmitToLab(term: FakeTerminal, runner: LabRunner) returns (sent: Option<string>)
    modifies term, runner
    ensures sent == Accept(old(term.input))
    ensures runner.history == old(runner.history) + (if sent.Some? then [sent.value] else [])
    ensures runner.lab == old(runner.lab) && runner.completed == old(runner.completed) && runner.result == old(runner.result)
    ensures sent.Some? ==> term.input == [] && term.lines == old(term.lines) + [term.prompt + " " + sent.value, SimulateOutput(sent.value)]
    ensures sent.None? ==> term.input == old(term.input) && term.lines == old(term.lines)
    ensures AllTrimmed(old(runner.history)) ==> AllTrimmed(runner.history)
    ensures Evaluator(runner.lab, old(runner.history)).score <= Evaluator(runner.lab, runner.history).score
  {
    ghost var before := runner.history;
    sent := term.Submit();
    if sent.Some? {
      runner.OnCommand(sent.value);
      EvaluateAppend(runner.lab, before, sent.value);
      if AllTrimmed(before) {
        AllTrimmedAppend(before, sent.value);
      }
    }
  }
}
